/** The client's derived state: the product list as filtered by the search
    box and the category picker, the cart badge's total and count, and the
    requests the cart controls send. */
module Storefront {
  import opened Text
  import opened Catalog
  import opened CartRoutes
  import opened LegacyServer

  /** A product as the client holds it; any field may be absent. */
  datatype Listing = Listing(id: int, name: Option<string>, category: Option<string>, price: real)

  /** `product.name?.toLowerCase().includes(searchQuery.toLowerCase())` and
      `selectedCategory === 'all' || product.category === selectedCategory`. */
  predicate Shown(l: Listing, query: string, category: string) {
    && l.name.Some? && Contains(Lower(l.name.value), Lower(query))
    && (category == "all" || l.category == Some(category))
  }

  /** `filteredProducts`. */
  function FilterProducts(products: seq<Listing>, query: string, category: string): (r: seq<Listing>)
    ensures |r| <= |products|
  {
    if products == [] then []
    else (if Shown(products[0], query, category) then [products[0]] else []) + FilterProducts(products[1..], query, category)
  }

  /** The filtered list keeps exactly the products shown, in their order. */
  lemma {:induction false} FilterProductsSpec(products: seq<Listing>, query: string, category: string)
    ensures forall l :: l in FilterProducts(products, query, category) <==> l in products && Shown(l, query, category)
    ensures SubsequenceOf(FilterProducts(products, query, category), products)
  {
    if products != [] {
      var tail := products[1..];
      FilterProductsSpec(tail, query, category);
      var r := FilterProducts(products, query, category);
      var rest := FilterProducts(tail, query, category);
      assert forall l :: l in products <==> l == products[0] || l in tail;
      if Shown(products[0], query, category) {
        assert r == [products[0]] + rest;
        assert r[1..] == rest;
      } else {
        assert r == rest;
      }
    }
  }

  /** A product without a name is never listed, whatever the search. */
  lemma {:induction false} UnnamedNeverShown(products: seq<Listing>, query: string, category: string, l: Listing)
    requires l.name.None?
    ensures l !in FilterProducts(products, query, category)
  {
    FilterProductsSpec(products, query, category);
  }

  /** An empty search in category "all" lists every named product. */
  lemma {:induction false} EmptySearchListsAllNamed(products: seq<Listing>)
    ensures forall l :: l in FilterProducts(products, "", "all") <==> l in products && l.name.Some?
  {
    FilterProductsSpec(products, "", "all");
    forall l | l in products && l.name.Some? ensures Shown(l, "", "all") {
      ContainsEmpty(Lower(l.name.value));
    }
  }

  /** `cart.reduce((sum, item) => sum + item.quantity, 0)`. */
  function CartCount(cart: seq<CartRow>): (n: int)
    ensures (forall i :: 0 <= i < |cart| ==> cart[i].quantity >= 0) ==> n >= 0
  {
    if cart == [] then 0
    else
      assert forall i :: 0 <= i < |cart| - 1 ==> cart[..|cart| - 1][i] == cart[i];
      CartCount(cart[..|cart| - 1]) + cart[|cart| - 1].quantity
  }

  /** The badge's count adds up over any split of the cart. */
  lemma {:induction false} CartCountAppend(a: seq<CartRow>, b: seq<CartRow>)
    ensures CartCount(a + b) == CartCount(a) + CartCount(b)
    decreases |b|
  {
    if b == [] {
      assert a + b == a;
    } else {
      var b' := b[..|b| - 1];
      assert (a + b)[..|a + b| - 1] == a + b';
      CartCountAppend(a, b');
    }
  }

  /** An empty cart shows 0 items and a total of 0. */
  lemma {:induction false} EmptyCartShowsZero()
    ensures CartCount([]) == 0 && Total([]) == 0.0
  {
  }

  /** `cartTotal` over the rows the cart routes return is the server's
      total, and adding `qty` of a catalog product through the router raises
      it by price times `qty`. */
  lemma {:induction false} ClientTotalAfterAdd(catalog: seq<Product>, lines: seq<CartLine>, nextId: int, pid: int, qty: int, p: Product)
    requires OneLinePerProduct(lines)
    requires Find(catalog, pid) == Some(p)
    ensures Total(Join(catalog, lines)) == CartValue(catalog, lines)
    ensures Total(Join(catalog, AddLine(lines, nextId, pid, qty))) == Total(Join(catalog, lines)) + p.price * qty as real
  {
    TotalOfJoin(catalog, lines);
    TotalOfJoin(catalog, AddLine(lines, nextId, pid, qty));
    AddRaisesTotal(catalog, lines, nextId, pid, qty, p);
  }

  /** The request a cart control sends. */
  datatype CartRequest = PostItem(productId: int, quantity: int) | DeleteItem(productId: int)

  /** `addToCart`: always one more. */
  function AddToCart(productId: int): (r: CartRequest)
    ensures r.PostItem? && r.productId == productId && r.quantity == 1
  {
    PostItem(productId, 1)
  }

  /** `updateCartItem`: a quantity of 0 or less removes the product,
      anything else is posted as it is. */
  function UpdateCartItem(productId: int, quantity: int): (r: CartRequest)
    ensures r.productId == productId
    ensures r.DeleteItem? <==> quantity <= 0
    ensures r.PostItem? ==> r.quantity == quantity
  {
    if quantity <= 0 then DeleteItem(productId) else PostItem(productId, quantity)
  }

  /** The cart table after the cart router handles a request for a catalog
      product. */
  function RouterApply(lines: seq<CartLine>, nextId: int, req: CartRequest): seq<CartLine> {
    match req
    case PostItem(pid, q) => AddLine(lines, nextId, pid, q)
    case DeleteItem(pid) => Without(lines, pid)
  }

  /** The cart table after the in-line handlers handle the same request. */
  function InlineApply(lines: seq<CartLine>, nextId: int, req: CartRequest): seq<CartLine> {
    match req
    case PostItem(pid, q) => LegacyAddLine(lines, nextId, pid, q)
    case DeleteItem(pid) => if HasProduct(lines, pid) then Without(lines, pid) else lines
  }

  /** Setting a line's quantity to `quantity`: a removal removes the line
      under both servers; a positive quantity is what the in-line handler
      stores, while the router adds it to the quantity already there. */
  lemma {:induction false} UpdateCartItemOutcome(lines: seq<CartLine>, nextId: int, pid: int, q: int, quantity: int)
    requires OneLinePerProduct(lines)
    requires QuantityOf(lines, pid) == Some(q)
    ensures quantity <= 0 ==>
      && RouterApply(lines, nextId, UpdateCartItem(pid, quantity)) == InlineApply(lines, nextId, UpdateCartItem(pid, quantity))
      && !HasProduct(RouterApply(lines, nextId, UpdateCartItem(pid, quantity)), pid)
    ensures quantity > 0 ==>
      && QuantityOf(InlineApply(lines, nextId, UpdateCartItem(pid, quantity)), pid) == Some(quantity)
      && QuantityOf(RouterApply(lines, nextId, UpdateCartItem(pid, quantity)), pid) == Some(q + quantity)
  {
    if quantity <= 0 {
      RemoveDeletesLines(lines, pid);
    } else {
      AddDiverges(lines, nextId, pid, q, quantity);
    }
  }

  /** Adding a product through the router puts exactly one more of it in
      the cart. */
  lemma {:induction false} AddToCartAddsOne(lines: seq<CartLine>, nextId: int, pid: int)
    requires OneLinePerProduct(lines)
    ensures QuantityOf(RouterApply(lines, nextId, AddToCart(pid)), pid)
         == Some(if HasProduct(lines, pid) then QuantityOf(lines, pid).value + 1 else 1)
  {
    if HasProduct(lines, pid) {
      AddMergesExisting(lines, nextId, pid, 1);
    } else {
      AddInsertsNew(lines, nextId, pid, 1);
    }
  }
}
