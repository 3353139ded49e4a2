/** The cart router: a table of cart lines keyed by product, joined against
    the products table to report live-priced totals. */
module CartRoutes {
  import opened Text
  import opened Catalog

  /** One row of the cart table. */
  datatype CartLine = CartLine(id: int, productId: int, quantity: int)

  /** One row of the cart-join-products query: a line enriched with the
      product's current name, price, category and image. */
  datatype CartRow = CartRow(
    id: int,
    productId: int,
    quantity: int,
    name: string,
    price: real,
    category: string,
    image: string)

  /** The `{ items, total }` body every cart route answers with. */
  datatype CartView = CartView(items: seq<CartRow>, total: real)

  datatype CartResponse = CartOk(view: CartView) | CartError(status: int, error: string)

  // ---------------------------------------------------------------------
  // The table as a value

  /** At most one line per product. */
  ghost predicate OneLinePerProduct(lines: seq<CartLine>) {
    forall i, j :: 0 <= i < j < |lines| ==> lines[i].productId != lines[j].productId
  }

  /** `SELECT * FROM cart WHERE product_id = ?` finds a row. */
  predicate HasProduct(lines: seq<CartLine>, pid: int) {
    exists l :: l in lines && l.productId == pid
  }

  /** The quantity on the first line for `pid`, if there is one. */
  function QuantityOf(lines: seq<CartLine>, pid: int): (r: Option<int>)
    ensures r.Some? <==> HasProduct(lines, pid)
  {
    if lines == [] then None
    else if lines[0].productId == pid then Some(lines[0].quantity)
    else QuantityOf(lines[1..], pid)
  }

  /** The lines of `pid` alone. */
  function Only(lines: seq<CartLine>, pid: int): (r: seq<CartLine>)
    ensures forall l :: l in r <==> l in lines && l.productId == pid
  {
    if lines == [] then []
    else (if lines[0].productId == pid then [lines[0]] else []) + Only(lines[1..], pid)
  }

  /** `DELETE FROM cart WHERE product_id = ?`: every line of `pid` goes,
      every other line stays, in order. */
  function Without(lines: seq<CartLine>, pid: int): (r: seq<CartLine>)
    ensures forall l :: l in r <==> l in lines && l.productId != pid
    ensures |r| <= |lines|
  {
    if lines == [] then []
    else (if lines[0].productId == pid then [] else [lines[0]]) + Without(lines[1..], pid)
  }

  /** `UPDATE cart SET quantity = quantity + ? WHERE product_id = ?`. */
  function Increment(lines: seq<CartLine>, pid: int, qty: int): (r: seq<CartLine>)
    ensures |r| == |lines|
    ensures forall i :: 0 <= i < |lines| ==>
      r[i] == if lines[i].productId == pid then lines[i].(quantity := lines[i].quantity + qty) else lines[i]
  {
    seq(|lines|, i requires 0 <= i < |lines| =>
      if lines[i].productId == pid then lines[i].(quantity := lines[i].quantity + qty) else lines[i])
  }

  /** The table after a successful add: merge into the existing line, or
      insert a new line with the next autoincrement id. */
  function AddLine(lines: seq<CartLine>, nextId: int, pid: int, qty: int): (r: seq<CartLine>)
    ensures HasProduct(r, pid)
    ensures |r| == if HasProduct(lines, pid) then |lines| else |lines| + 1
    ensures forall i :: 0 <= i < |lines| ==> r[i].id == lines[i].id && r[i].productId == lines[i].productId
  {
    assert HasProduct(lines, pid) ==> HasProduct(Increment(lines, pid, qty), pid) by {
      if HasProduct(lines, pid) {
        var l :| l in lines && l.productId == pid;
        var k :| 0 <= k < |lines| && lines[k] == l;
        assert Increment(lines, pid, qty)[k] in Increment(lines, pid, qty);
      }
    }
    assert (lines + [CartLine(nextId, pid, qty)])[|lines|] in lines + [CartLine(nextId, pid, qty)];
    if HasProduct(lines, pid) then Increment(lines, pid, qty)
    else lines + [CartLine(nextId, pid, qty)]
  }

  // ---------------------------------------------------------------------
  // The join and the total

  function Enrich(l: CartLine, p: Product): CartRow {
    CartRow(l.id, l.productId, l.quantity, p.name, p.price, p.category, p.image)
  }

  /** The rows one line contributes to the join: its enriched row, or none
      when its product is not in the catalog. */
  function JoinLine(catalog: seq<Product>, l: CartLine): seq<CartRow> {
    match Find(catalog, l.productId)
    case Some(p) => [Enrich(l, p)]
    case None => []
  }

  /** `FROM cart JOIN products ON cart.product_id = products.id`: a line whose
      product is not in the catalog yields no row. */
  function Join(catalog: seq<Product>, lines: seq<CartLine>): (rows: seq<CartRow>)
    ensures |rows| <= |lines|
    ensures forall r :: r in rows ==>
      Find(catalog, r.productId).Some? && r.price == Find(catalog, r.productId).value.price
    ensures forall r :: r in rows ==>
      exists l :: l in lines && Find(catalog, l.productId).Some? && r == Enrich(l, Find(catalog, l.productId).value)
    ensures forall l :: l in lines && Find(catalog, l.productId).Some? ==>
      Enrich(l, Find(catalog, l.productId).value) in rows
    ensures OneLinePerProduct(lines) ==>
      forall i, j :: 0 <= i < j < |rows| ==> rows[i].productId != rows[j].productId
  {
    if lines == [] then []
    else
      var head := JoinLine(catalog, lines[0]);
      var rest := Join(catalog, lines[1..]);
      assert forall l :: l in lines <==> l == lines[0] || l in lines[1..];
      assert forall r :: r in head + rest <==> r in head || r in rest;
      assert OneLinePerProduct(lines) ==>
        forall i, j :: 0 <= i < j < |head + rest| ==> (head + rest)[i].productId != (head + rest)[j].productId
      by {
        if OneLinePerProduct(lines) {
          JoinRowsOneLinePerProduct(lines, head, rest);
        }
      }
      head + rest
  }

  /** The step of the join's one-row-per-product argument: the first line's
      row, if any, names a product no later line has. */
  lemma {:induction false} JoinRowsOneLinePerProduct(lines: seq<CartLine>, head: seq<CartRow>, rest: seq<CartRow>)
    requires lines != [] && OneLinePerProduct(lines)
    requires |head| <= 1 && forall r :: r in head ==> r.productId == lines[0].productId
    requires forall r :: r in rest ==> exists l :: l in lines[1..] && r.productId == l.productId
    requires OneLinePerProduct(lines[1..]) ==>
      forall i, j :: 0 <= i < j < |rest| ==> rest[i].productId != rest[j].productId
    ensures forall i, j :: 0 <= i < j < |head + rest| ==> (head + rest)[i].productId != (head + rest)[j].productId
  {
    assert OneLinePerProduct(lines[1..]) by {
      forall i, j | 0 <= i < j < |lines[1..]| ensures lines[1..][i].productId != lines[1..][j].productId {
        assert lines[1..][i] == lines[i + 1] && lines[1..][j] == lines[j + 1];
      }
    }
    var rows := head + rest;
    forall i, j | 0 <= i < j < |rows| ensures rows[i].productId != rows[j].productId {
      if i < |head| {
        assert rows[i] in head;
        assert rows[j] == rest[j - |head|];
        assert rows[j] in rest;
        var l :| l in lines[1..] && rows[j].productId == l.productId;
        var k :| 0 <= k < |lines[1..]| && lines[1..][k] == l;
        assert lines[k + 1] == l;
      } else {
        assert rows[i] == rest[i - |head|] && rows[j] == rest[j - |head|];
      }
    }
  }

  /** `rows.reduce((sum, item) => sum + item.price * item.quantity, 0)`. */
  function Total(rows: seq<CartRow>): real {
    if rows == [] then 0.0
    else Total(rows[..|rows| - 1]) + rows[|rows| - 1].price * rows[|rows| - 1].quantity as real
  }

  /** What one line contributes at current catalog prices. */
  function LineValue(catalog: seq<Product>, l: CartLine): real {
    match Find(catalog, l.productId)
    case Some(p) => p.price * l.quantity as real
    case None => 0.0
  }

  /** Sum of price times quantity over the lines whose product exists. */
  function CartValue(catalog: seq<Product>, lines: seq<CartLine>): real {
    if lines == [] then 0.0 else LineValue(catalog, lines[0]) + CartValue(catalog, lines[1..])
  }

  lemma {:induction false} TotalAppend(a: seq<CartRow>, b: seq<CartRow>)
    ensures Total(a + b) == Total(a) + Total(b)
    decreases |b|
  {
    if b == [] {
      assert a + b == a;
    } else {
      var b' := b[..|b| - 1];
      assert (a + b)[..|a + b| - 1] == a + b';
      TotalAppend(a, b');
    }
  }

  /** The reported total is the sum of price times quantity over the lines
      whose product is still in the catalog. */
  lemma {:induction false} TotalOfJoin(catalog: seq<Product>, lines: seq<CartLine>)
    ensures Total(Join(catalog, lines)) == CartValue(catalog, lines)
  {
    if lines != [] {
      var head := JoinLine(catalog, lines[0]);
      var rest := Join(catalog, lines[1..]);
      assert Join(catalog, lines) == head + rest;
      TotalAppend(head, rest);
      TotalOfJoin(catalog, lines[1..]);
      JoinLineTotal(catalog, lines[0]);
    }
  }

  lemma {:induction false} JoinLineTotal(catalog: seq<Product>, l: CartLine)
    ensures Total(JoinLine(catalog, l)) == LineValue(catalog, l)
  {
    var head := JoinLine(catalog, l);
    if head != [] {
      assert head[..0] == [];
    }
  }

  lemma {:induction false} CartValueAppend(catalog: seq<Product>, a: seq<CartLine>, b: seq<CartLine>)
    ensures CartValue(catalog, a + b) == CartValue(catalog, a) + CartValue(catalog, b)
  {
    if a != [] {
      assert (a + b)[1..] == a[1..] + b;
      CartValueAppend(catalog, a[1..], b);
    } else {
      assert a + b == b;
    }
  }

  // ---------------------------------------------------------------------
  // Properties of the table operations

  lemma {:induction false} OnlyOfOneLine(lines: seq<CartLine>, pid: int)
    requires OneLinePerProduct(lines)
    ensures |Only(lines, pid)| <= 1
    ensures HasProduct(lines, pid) ==> |Only(lines, pid)| == 1
    ensures !HasProduct(lines, pid) ==> Only(lines, pid) == []
  {
    if !HasProduct(lines, pid) {
      AbsentHasNoLines(lines, pid);
    }
    if lines != [] {
      assert OneLinePerProduct(lines[1..]);
      OnlyOfOneLine(lines[1..], pid);
      if lines[0].productId == pid {
        forall l | l in lines[1..] ensures l.productId != pid {
          var j :| 0 <= j < |lines[1..]| && lines[1..][j] == l;
          assert lines[j + 1] == l;
        }
        AbsentHasNoLines(lines[1..], pid);
      } else if HasProduct(lines, pid) {
        var l :| l in lines && l.productId == pid;
        assert l in lines[1..];
      }
    }
  }

  /** Add keeps "at most one line per product". */
  lemma {:induction false} AddKeepsOneLinePerProduct(lines: seq<CartLine>, nextId: int, pid: int, qty: int)
    requires OneLinePerProduct(lines)
    ensures OneLinePerProduct(AddLine(lines, nextId, pid, qty))
  {
    var r := AddLine(lines, nextId, pid, qty);
    if !HasProduct(lines, pid) {
      forall i, j | 0 <= i < j < |r| ensures r[i].productId != r[j].productId {
        if j == |lines| {
          assert r[i] in lines;
        }
      }
    }
  }

  /** Adding a product already in the cart adds no line and raises its
      quantity by the requested amount. */
  lemma {:induction false} AddMergesExisting(lines: seq<CartLine>, nextId: int, pid: int, qty: int)
    requires OneLinePerProduct(lines)
    requires HasProduct(lines, pid)
    ensures |AddLine(lines, nextId, pid, qty)| == |lines|
    ensures QuantityOf(AddLine(lines, nextId, pid, qty), pid) == Some(QuantityOf(lines, pid).value + qty)
  {
    IncrementQuantity(lines, pid, qty);
  }

  lemma {:induction false} IncrementQuantity(lines: seq<CartLine>, pid: int, qty: int)
    requires HasProduct(lines, pid)
    ensures QuantityOf(Increment(lines, pid, qty), pid) == Some(QuantityOf(lines, pid).value + qty)
  {
    if lines[0].productId != pid {
      assert Increment(lines, pid, qty)[1..] == Increment(lines[1..], pid, qty);
      var l :| l in lines && l.productId == pid;
      assert l in lines[1..];
      IncrementQuantity(lines[1..], pid, qty);
    }
  }

  /** Add keeps every line id below the next autoincrement id. */
  lemma {:induction false} AddLineIdsBelow(lines: seq<CartLine>, nextId: int, pid: int, qty: int)
    requires forall l :: l in lines ==> l.id < nextId
    ensures var bound := if HasProduct(lines, pid) then nextId else nextId + 1;
      forall l :: l in AddLine(lines, nextId, pid, qty) ==> l.id < bound
  {
    var r := AddLine(lines, nextId, pid, qty);
    forall l | l in r ensures l.id < if HasProduct(lines, pid) then nextId else nextId + 1 {
      var i :| 0 <= i < |r| && r[i] == l;
      if i < |lines| {
        assert lines[i] in lines;
      }
    }
  }

  /** Adding a product not yet in the cart appends exactly one line, with the
      requested quantity, and keeps every earlier line in place. */
  lemma {:induction false} AddInsertsNew(lines: seq<CartLine>, nextId: int, pid: int, qty: int)
    requires !HasProduct(lines, pid)
    ensures |AddLine(lines, nextId, pid, qty)| == |lines| + 1
    ensures AddLine(lines, nextId, pid, qty)[..|lines|] == lines
    ensures QuantityOf(AddLine(lines, nextId, pid, qty), pid) == Some(qty)
  {
    QuantityOfAppend(lines, CartLine(nextId, pid, qty));
  }

  lemma {:induction false} QuantityOfAppend(lines: seq<CartLine>, l: CartLine)
    requires !HasProduct(lines, l.productId)
    ensures QuantityOf(lines + [l], l.productId) == Some(l.quantity)
  {
    if lines != [] {
      assert (lines + [l])[1..] == lines[1..] + [l];
      assert !HasProduct(lines[1..], l.productId) by {
        forall m | m in lines[1..] ensures m.productId != l.productId {
          assert m in lines;
        }
      }
      QuantityOfAppend(lines[1..], l);
    }
  }

  /** Add changes no line of any other product: with the product's own lines
      set aside, the table is exactly what it was. */
  lemma {:induction false} AddLeavesOtherLines(lines: seq<CartLine>, nextId: int, pid: int, qty: int)
    ensures Without(AddLine(lines, nextId, pid, qty), pid) == Without(lines, pid)
  {
    if HasProduct(lines, pid) {
      WithoutIncrement(lines, pid, qty);
    } else {
      WithoutAppend(lines, [CartLine(nextId, pid, qty)], pid);
    }
  }

  lemma {:induction false} WithoutIncrement(lines: seq<CartLine>, pid: int, qty: int)
    ensures Without(Increment(lines, pid, qty), pid) == Without(lines, pid)
  {
    if lines != [] {
      assert Increment(lines, pid, qty)[1..] == Increment(lines[1..], pid, qty);
      WithoutIncrement(lines[1..], pid, qty);
    }
  }

  lemma {:induction false} WithoutAppend(a: seq<CartLine>, b: seq<CartLine>, pid: int)
    ensures Without(a + b, pid) == Without(a, pid) + Without(b, pid)
  {
    if a == [] {
      assert a + b == b;
    } else {
      assert (a + b)[1..] == a[1..] + b;
      WithoutAppend(a[1..], b, pid);
    }
  }

  /** The cart's value splits into the product's own lines and the rest. */
  lemma {:induction false} CartValueSplit(catalog: seq<Product>, lines: seq<CartLine>, pid: int)
    ensures CartValue(catalog, lines) == CartValue(catalog, Only(lines, pid)) + CartValue(catalog, Without(lines, pid))
  {
    if lines != [] {
      CartValueSplit(catalog, lines[1..], pid);
      var h := [lines[0]];
      if lines[0].productId == pid {
        CartValueAppend(catalog, h, Only(lines[1..], pid));
        assert Without(lines, pid) == Without(lines[1..], pid);
      } else {
        CartValueAppend(catalog, h, Without(lines[1..], pid));
        assert Only(lines, pid) == Only(lines[1..], pid);
      }
    }
  }

  lemma {:induction false} AbsentHasNoLines(lines: seq<CartLine>, pid: int)
    requires !HasProduct(lines, pid)
    ensures Only(lines, pid) == []
  {
    if Only(lines, pid) != [] {
      assert Only(lines, pid)[0] in Only(lines, pid);
    }
  }

  lemma {:induction false} IncrementAbsent(lines: seq<CartLine>, pid: int, qty: int)
    requires forall l :: l in lines ==> l.productId != pid
    ensures Increment(lines, pid, qty) == lines
  {
  }

  /** Merging `qty` into the one line of a product raises the value by price
      times `qty`. */
  lemma {:induction false} IncrementValue(catalog: seq<Product>, lines: seq<CartLine>, pid: int, qty: int, p: Product)
    requires OneLinePerProduct(lines)
    requires HasProduct(lines, pid)
    requires Find(catalog, pid) == Some(p)
    ensures CartValue(catalog, Increment(lines, pid, qty)) == CartValue(catalog, lines) + p.price * qty as real
  {
    var r := Increment(lines, pid, qty);
    IncrementTail(lines, pid, qty);
    var tail := Increment(lines[1..], pid, qty);
    assert CartValue(catalog, r) == LineValue(catalog, r[0]) + CartValue(catalog, tail);
    if lines[0].productId == pid {
      forall l | l in lines[1..] ensures l.productId != pid {
        var j :| 0 <= j < |lines[1..]| && lines[1..][j] == l;
        assert lines[j + 1] == l;
      }
      IncrementAbsent(lines[1..], pid, qty);
      HeadValue(catalog, lines[0], qty, p);
    } else {
      var l :| l in lines && l.productId == pid;
      assert l in lines[1..];
      assert OneLinePerProduct(lines[1..]);
      IncrementValue(catalog, lines[1..], pid, qty, p);
    }
  }

  /** The first line of an incremented table, and the rest. */
  lemma {:induction false} IncrementTail(lines: seq<CartLine>, pid: int, qty: int)
    requires lines != []
    ensures Increment(lines, pid, qty)[1..] == Increment(lines[1..], pid, qty)
    ensures Increment(lines, pid, qty)[0]
         == if lines[0].productId == pid then lines[0].(quantity := lines[0].quantity + qty) else lines[0]
  {
    var r := Increment(lines, pid, qty);
    var t := Increment(lines[1..], pid, qty);
    assert |r[1..]| == |t|;
    forall i | 0 <= i < |t| ensures r[1..][i] == t[i] {
      assert r[1..][i] == r[i + 1];
      assert lines[1..][i] == lines[i + 1];
    }
  }

  /** Raising the quantity of a catalog product's line by `qty` raises its
      value by price times `qty`. */
  lemma {:induction false} HeadValue(catalog: seq<Product>, l: CartLine, qty: int, p: Product)
    requires Find(catalog, l.productId) == Some(p)
    ensures LineValue(catalog, l.(quantity := l.quantity + qty)) == LineValue(catalog, l) + p.price * qty as real
  {
    Distribute(p.price, l.quantity, qty);
  }

  lemma {:induction false} Distribute(price: real, q: int, qty: int)
    ensures price * (q + qty) as real == price * q as real + price * qty as real
  {
  }

  /** Adding `qty` of a catalog product raises the live total by exactly
      price times `qty`. */
  lemma {:induction false} AddRaisesTotal(catalog: seq<Product>, lines: seq<CartLine>, nextId: int, pid: int, qty: int, p: Product)
    requires OneLinePerProduct(lines)
    requires Find(catalog, pid) == Some(p)
    ensures CartValue(catalog, AddLine(lines, nextId, pid, qty)) == CartValue(catalog, lines) + p.price * qty as real
  {
    if HasProduct(lines, pid) {
      assert AddLine(lines, nextId, pid, qty) == Increment(lines, pid, qty);
      IncrementValue(catalog, lines, pid, qty, p);
    } else {
      assert AddLine(lines, nextId, pid, qty) == lines + [CartLine(nextId, pid, qty)];
      AppendValue(catalog, lines, CartLine(nextId, pid, qty), p);
    }
  }

  lemma {:induction false} AppendValue(catalog: seq<Product>, lines: seq<CartLine>, l: CartLine, p: Product)
    requires Find(catalog, l.productId) == Some(p)
    ensures CartValue(catalog, lines + [l]) == CartValue(catalog, lines) + p.price * l.quantity as real
  {
    CartValueAppend(catalog, lines, [l]);
    assert [l][1..] == [];
    assert CartValue(catalog, [l]) == LineValue(catalog, l);
  }

  /** Removing a product leaves no line for it and keeps one line per
      product. */
  lemma {:induction false} RemoveDeletesLines(lines: seq<CartLine>, pid: int)
    requires OneLinePerProduct(lines)
    ensures !HasProduct(Without(lines, pid), pid)
    ensures OneLinePerProduct(Without(lines, pid))
  {
    WithoutKeepsOneLinePerProduct(lines, pid);
  }

  lemma {:induction false} WithoutKeepsOneLinePerProduct(lines: seq<CartLine>, pid: int)
    requires OneLinePerProduct(lines)
    ensures OneLinePerProduct(Without(lines, pid))
  {
    if lines != [] {
      assert OneLinePerProduct(lines[1..]);
      WithoutKeepsOneLinePerProduct(lines[1..], pid);
      var rest := Without(lines[1..], pid);
      if lines[0].productId != pid {
        forall j | 0 <= j < |rest| ensures lines[0].productId != rest[j].productId {
          assert rest[j] in lines[1..];
          var k :| 0 <= k < |lines[1..]| && lines[1..][k] == rest[j];
          assert lines[k + 1] == rest[j];
        }
      }
    }
  }

  /** DELETE keeps the surviving lines in their order. */
  lemma {:induction false} WithoutIsSubsequence(lines: seq<CartLine>, pid: int)
    ensures SubsequenceOf(Without(lines, pid), lines)
  {
    if lines != [] {
      var rest := Without(lines[1..], pid);
      WithoutIsSubsequence(lines[1..], pid);
      if lines[0].productId != pid {
        assert Without(lines, pid) == [lines[0]] + rest;
        assert ([lines[0]] + rest)[1..] == rest;
      } else {
        assert Without(lines, pid) == rest;
      }
    }
  }

  /** Removing a product that has no line leaves the table unchanged. */
  lemma {:induction false} RemoveAbsentIsNoOp(lines: seq<CartLine>, pid: int)
    requires !HasProduct(lines, pid)
    ensures Without(lines, pid) == lines
  {
    if lines != [] {
      assert !HasProduct(lines[1..], pid) by {
        forall l | l in lines[1..] ensures l.productId != pid {
          assert l in lines;
        }
      }
      RemoveAbsentIsNoOp(lines[1..], pid);
      assert lines == [lines[0]] + lines[1..];
    }
  }

  /** Removing a product lowers the live total by exactly that product's
      lines' value. */
  lemma {:induction false} RemoveLowersTotal(catalog: seq<Product>, lines: seq<CartLine>, pid: int)
    ensures CartValue(catalog, Without(lines, pid)) == CartValue(catalog, lines) - CartValue(catalog, Only(lines, pid))
  {
    CartValueSplit(catalog, lines, pid);
  }

  /** Adding product 7 twice, 2 then 3, leaves exactly one line for it, with
      quantity 5. */
  lemma {:induction false} AddTwiceMerges(nextId: int)
    ensures var once := AddLine([], nextId, 7, 2);
            var twice := AddLine(once, nextId + 1, 7, 3);
            |twice| == 1 && twice[0].productId == 7 && twice[0].quantity == 5
  {
    var once := AddLine([], nextId, 7, 2);
    assert once == [CartLine(nextId, 7, 2)];
    assert HasProduct(once, 7);
  }

  // ---------------------------------------------------------------------
  // The table as updated in place by the router

  class CartStore {
    const catalog: seq<Product>
    var lines: seq<CartLine>
    var nextLineId: int

    ghost predicate Valid()
      reads this
    {
      && UniqueIds(catalog)
      && OneLinePerProduct(lines)
      && (forall l :: l in lines ==> l.id < nextLineId)
    }

    constructor (catalog: seq<Product>)
      requires UniqueIds(catalog)
      ensures Valid()
      ensures this.catalog == catalog && lines == []
    {
      this.catalog := catalog;
      lines := [];
      nextLineId := 1;
    }

    /** GET `/`: the joined lines and their live-priced total. */
    function Snapshot(): (v: CartView)
      reads this
      ensures v.items == Join(catalog, lines)
      ensures |v.items| <= |lines|
      ensures v.total == CartValue(catalog, lines)
    {
      var rows := Join(catalog, lines);
      TotalOfJoin(catalog, lines);
      CartView(rows, Total(rows))
    }

    /** POST `/` with body `{ productId, quantity = 1 }`. */
    method Add(productId: Option<int>, quantity: Option<int>) returns (resp: CartResponse)
      requires Valid()
      modifies this
      ensures Valid()
      ensures !TruthyInt(productId) ==>
        resp == CartError(400, "Missing productId") && unchanged(this)
      ensures TruthyInt(productId) && Find(catalog, productId.value).None? ==>
        resp == CartError(404, "Product not found") && unchanged(this)
      ensures TruthyInt(productId) && Find(catalog, productId.value).Some? ==>
        && lines == AddLine(old(lines), old(nextLineId), productId.value, quantity.GetOr(1))
        && nextLineId >= old(nextLineId)
        && resp == CartOk(Snapshot())
    {
      if !TruthyInt(productId) {
        return CartError(400, "Missing productId");
      }
      var pid := productId.value;
      var product := Find(catalog, pid);
      if product.None? {
        return CartError(404, "Product not found");
      }
      var qty := quantity.GetOr(1);
      AddKeepsOneLinePerProduct(lines, nextLineId, pid, qty);
      AddLineIdsBelow(lines, nextLineId, pid, qty);
      var merged := HasProduct(lines, pid);
      lines := AddLine(lines, nextLineId, pid, qty);
      if !merged {
        nextLineId := nextLineId + 1;
      }
      resp := CartOk(Snapshot());
    }

    /** DELETE `/:id`: drop the product's line(s); an absent product is not
        an error. */
    method Remove(pid: int) returns (resp: CartView)
      requires Valid()
      modifies this
      ensures Valid()
      ensures lines == Without(old(lines), pid) && nextLineId == old(nextLineId)
      ensures resp == Snapshot()
    {
      RemoveDeletesLines(lines, pid);
      lines := Without(lines, pid);
      resp := Snapshot();
    }

    /** DELETE `/`: empty the table and answer with an empty cart. */
    method Clear() returns (resp: CartView)
      requires Valid()
      modifies this
      ensures Valid()
      ensures lines == [] && nextLineId == old(nextLineId)
      ensures resp == CartView([], 0.0) && resp == Snapshot()
    {
      lines := [];
      resp := CartView([], 0.0);
    }
  }
}
