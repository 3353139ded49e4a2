/** Request dispatch in the server: layers are tried in registration order
    and the first one with a matching route answers. A mounted router
    matches paths under its prefix and tries its own routes in order; every
    handler here answers (successfully or with an error status) rather
    than passing the request on. */
module Routing {
  import opened Text

  datatype Verb = Get | Post | Delete

  /** One segment of a route pattern: literal text, or a `:name` parameter,
      which matches any non-empty segment. */
  datatype Segment = Lit(text: string) | Param

  datatype Route = Route(verb: Verb, pattern: seq<Segment>)

  /** Every handler the server registers, by the code that implements it. */
  datatype Handler =
    | CartList | CartAdd | CartRemove | CartClear
    | CheckoutPlace
    | ProductsList | ProductsGet | ProductsAddSample
    | RecsGet
    | InlineProductsList | InlineProductGet
    | InlineCartAdd | InlineCartGet | InlineCartRemove
    | InlineCheckout
    | OrdersList | OrderGet
    | Health

  datatype Layer =
    | Mount(prefix: seq<string>, routes: seq<(Route, Handler)>)
    | Direct(route: Route, handler: Handler)

  /** One path segment fits one pattern segment. */
  predicate Fits(segment: Segment, part: string) {
    match segment
    case Lit(t) => part == t
    case Param => part != ""
  }

  /** A request path, split into its segments, fits a pattern. */
  predicate Matches(pattern: seq<Segment>, path: seq<string>) {
    |pattern| == |path| && forall i :: 0 <= i < |path| ==> Fits(pattern[i], path[i])
  }

  /** A route fits a request: same verb, and the path fits its pattern. */
  predicate RouteFits(route: Route, verb: Verb, path: seq<string>) {
    route.verb == verb && Matches(route.pattern, path)
  }

  /** The first route of a router that fits the request. */
  function FirstRoute(routes: seq<(Route, Handler)>, verb: Verb, path: seq<string>): (r: Option<Handler>)
    ensures r.None? <==> forall k :: 0 <= k < |routes| ==> !RouteFits(routes[k].0, verb, path)
    ensures r.Some? ==> exists k :: (0 <= k < |routes| && RouteFits(routes[k].0, verb, path) && routes[k].1 == r.value
      && forall j :: 0 <= j < k ==> !RouteFits(routes[j].0, verb, path))
  {
    if routes == [] then None
    else if RouteFits(routes[0].0, verb, path) then Some(routes[0].1)
    else
      var r := FirstRoute(routes[1..], verb, path);
      assert forall k :: 0 < k < |routes| ==> routes[k] == routes[1..][k - 1];
      assert r.Some? ==> exists k :: (0 <= k < |routes| && RouteFits(routes[k].0, verb, path) && routes[k].1 == r.value
          && forall j :: 0 <= j < k ==> !RouteFits(routes[j].0, verb, path)) by {
        if r.Some? {
          var k :| 0 <= k < |routes[1..]| && RouteFits(routes[1..][k].0, verb, path) && routes[1..][k].1 == r.value
            && forall j :: 0 <= j < k ==> !RouteFits(routes[1..][j].0, verb, path);
          assert routes[k + 1] == routes[1..][k];
          assert forall j :: 0 < j < k + 1 ==> !RouteFits(routes[j].0, verb, path);
        }
      }
      r
  }

  /** A router runs its first route that fits. */
  lemma {:induction false} FirstRouteAt(routes: seq<(Route, Handler)>, k: int, verb: Verb, path: seq<string>)
    requires 0 <= k < |routes|
    requires forall m :: 0 <= m < k ==> !RouteFits(routes[m].0, verb, path)
    requires RouteFits(routes[k].0, verb, path)
    ensures FirstRoute(routes, verb, path) == Some(routes[k].1)
  {
    if k > 0 {
      assert forall m :: 0 <= m < k - 1 ==> routes[1..][m] == routes[m + 1];
      FirstRouteAt(routes[1..], k - 1, verb, path);
    }
  }

  /** The handler a single layer would run, if it matches. */
  function LayerHandler(layer: Layer, verb: Verb, path: seq<string>): Option<Handler> {
    match layer
    case Mount(prefix, routes) =>
      if prefix <= path then FirstRoute(routes, verb, path[|prefix|..]) else None
    case Direct(route, handler) =>
      if route.verb == verb && Matches(route.pattern, path) then Some(handler) else None
  }

  /** The first layer that matches answers the request. */
  function Dispatch(layers: seq<Layer>, verb: Verb, path: seq<string>): (r: Option<Handler>)
    ensures r.None? <==> forall k :: 0 <= k < |layers| ==> LayerHandler(layers[k], verb, path).None?
    ensures r.Some? ==> exists k :: (0 <= k < |layers| && LayerHandler(layers[k], verb, path) == r
      && forall m :: 0 <= m < k ==> LayerHandler(layers[m], verb, path).None?)
  {
    if layers == [] then None
    else
      match LayerHandler(layers[0], verb, path)
      case Some(h) => Some(h)
      case None =>
        var r := Dispatch(layers[1..], verb, path);
        assert forall k :: 0 < k < |layers| ==> layers[k] == layers[1..][k - 1];
        assert r.Some? ==> exists k :: (0 <= k < |layers| && LayerHandler(layers[k], verb, path) == r
            && forall m :: 0 <= m < k ==> LayerHandler(layers[m], verb, path).None?) by {
          if r.Some? {
            var k :| 0 <= k < |layers[1..]| && LayerHandler(layers[1..][k], verb, path) == r
              && forall m :: 0 <= m < k ==> LayerHandler(layers[1..][m], verb, path).None?;
            assert LayerHandler(layers[k + 1], verb, path) == r;
            assert forall m :: 0 < m < k + 1 ==> LayerHandler(layers[m], verb, path).None?;
          }
        }
        r
  }

  /** A layer is never reached for a request when an earlier layer matches
      every request it matches, and no other layer produces its handler. */
  lemma {:induction false} ShadowedLayer(layers: seq<Layer>, i: int, j: int, verb: Verb, path: seq<string>)
    requires 0 <= j < i < |layers|
    requires layers[i].Direct?
    requires LayerHandler(layers[i], verb, path).Some? ==> LayerHandler(layers[j], verb, path).Some?
    requires forall k :: 0 <= k < |layers| && k != i ==> LayerHandler(layers[k], verb, path) != Some(layers[i].handler)
    ensures Dispatch(layers, verb, path) != Some(layers[i].handler)
  {
    var r := Dispatch(layers, verb, path);
    if r.Some? {
      var k :| 0 <= k < |layers| && LayerHandler(layers[k], verb, path) == r
        && forall m :: 0 <= m < k ==> LayerHandler(layers[m], verb, path).None?;
      assert k != i by {
        assert j < k ==> LayerHandler(layers[j], verb, path).None?;
      }
    }
  }

  // ---------------------------------------------------------------------
  // The server as registered

  function CartRouter(): seq<(Route, Handler)> {
    [ (Route(Get, []), CartList),
      (Route(Post, []), CartAdd),
      (Route(Delete, [Param]), CartRemove),
      (Route(Delete, []), CartClear) ]
  }

  function CheckoutRouter(): seq<(Route, Handler)> {
    [ (Route(Post, []), CheckoutPlace) ]
  }

  function ProductsRouter(): seq<(Route, Handler)> {
    [ (Route(Get, []), ProductsList),
      (Route(Get, [Param]), ProductsGet),
      (Route(Post, [Lit("add-sample")]), ProductsAddSample) ]
  }

  function RecsRouter(): seq<(Route, Handler)> {
    [ (Route(Get, []), RecsGet) ]
  }

  /** The routers first, then the in-line handlers, in file order. */
  function App(): seq<Layer> {
    [ Mount(["api", "checkout"], CheckoutRouter()),
      Mount(["api", "products"], ProductsRouter()),
      Mount(["api", "recommendations"], RecsRouter()),
      Mount(["api", "cart"], CartRouter()),
      Direct(Route(Get, [Lit("api"), Lit("products")]), InlineProductsList),
      Direct(Route(Get, [Lit("api"), Lit("products"), Param]), InlineProductGet),
      Direct(Route(Post, [Lit("api"), Lit("cart")]), InlineCartAdd),
      Direct(Route(Get, [Lit("api"), Lit("cart")]), InlineCartGet),
      Direct(Route(Delete, [Lit("api"), Lit("cart"), Param]), InlineCartRemove),
      Direct(Route(Post, [Lit("api"), Lit("checkout")]), InlineCheckout),
      Direct(Route(Get, [Lit("api"), Lit("orders")]), OrdersList),
      Direct(Route(Get, [Lit("api"), Lit("orders"), Param]), OrderGet),
      Direct(Route(Get, [Lit("api"), Lit("health")]), Health) ]
  }

  /** The in-line cart, checkout and product handlers never answer: the
      router mounted on the same prefix matches every request they match. */
  lemma {:induction false} InlineHandlersShadowed(verb: Verb, path: seq<string>)
    ensures Dispatch(App(), verb, path) != Some(InlineProductsList)
    ensures Dispatch(App(), verb, path) != Some(InlineProductGet)
    ensures Dispatch(App(), verb, path) != Some(InlineCartAdd)
    ensures Dispatch(App(), verb, path) != Some(InlineCartGet)
    ensures Dispatch(App(), verb, path) != Some(InlineCartRemove)
    ensures Dispatch(App(), verb, path) != Some(InlineCheckout)
  {
    InlineProductsShadowed(verb, path);
    InlineCartShadowed(verb, path);
    InlineCheckoutShadowed(verb, path);
  }

  lemma {:induction false} InlineProductsShadowed(verb: Verb, path: seq<string>)
    ensures Dispatch(App(), verb, path) != Some(InlineProductsList)
    ensures Dispatch(App(), verb, path) != Some(InlineProductGet)
  {
    ProductsCovers(verb, path);
    OnlyOwnLayer(4, verb, path);
    OnlyOwnLayer(5, verb, path);
    ShadowedLayer(App(), 4, 1, verb, path);
    ShadowedLayer(App(), 5, 1, verb, path);
  }

  lemma {:induction false} InlineCartShadowed(verb: Verb, path: seq<string>)
    ensures Dispatch(App(), verb, path) != Some(InlineCartAdd)
    ensures Dispatch(App(), verb, path) != Some(InlineCartGet)
    ensures Dispatch(App(), verb, path) != Some(InlineCartRemove)
  {
    CartCovers(verb, path);
    OnlyOwnLayer(6, verb, path);
    OnlyOwnLayer(7, verb, path);
    OnlyOwnLayer(8, verb, path);
    ShadowedLayer(App(), 6, 3, verb, path);
    ShadowedLayer(App(), 7, 3, verb, path);
    ShadowedLayer(App(), 8, 3, verb, path);
  }

  lemma {:induction false} InlineCheckoutShadowed(verb: Verb, path: seq<string>)
    ensures Dispatch(App(), verb, path) != Some(InlineCheckout)
  {
    CheckoutCovers(verb, path);
    OnlyOwnLayer(9, verb, path);
    ShadowedLayer(App(), 9, 0, verb, path);
  }

  /** The handlers registered in-line for paths a router also serves. */
  predicate IsInline(h: Handler) {
    h.InlineProductsList? || h.InlineProductGet? || h.InlineCartAdd? || h.InlineCartGet?
    || h.InlineCartRemove? || h.InlineCheckout?
  }

  /** No mounted router produces an in-line handler. */
  lemma {:induction false} RoutersHaveNoInline(i: int, verb: Verb, path: seq<string>)
    requires 0 <= i < 4
    ensures LayerHandler(App()[i], verb, path).Some? ==> !IsInline(LayerHandler(App()[i], verb, path).value)
  {
    var layer := App()[i];
    assert forall k :: 0 <= k < |layer.routes| ==> !IsInline(layer.routes[k].1);
  }

  /** An in-line handler is produced by its own layer only. */
  lemma {:induction false} OnlyOwnLayer(i: int, verb: Verb, path: seq<string>)
    requires 4 <= i <= 9
    ensures forall k :: 0 <= k < |App()| && k != i ==> LayerHandler(App()[k], verb, path) != Some(App()[i].handler)
  {
    var app := App();
    assert IsInline(app[i].handler);
    forall k | 0 <= k < |app| && k != i ensures LayerHandler(app[k], verb, path) != Some(app[i].handler) {
      if k < 4 {
        RoutersHaveNoInline(k, verb, path);
      } else {
        assert app[k].handler != app[i].handler;
      }
    }
  }

  lemma {:induction false} MatchesOneParam(path: seq<string>)
    ensures Matches([Param], path) <==> |path| == 1 && path[0] != ""
  {
    if |path| == 1 {
      assert Fits([Param][0], path[0]) <==> path[0] != "";
    }
  }

  lemma {:induction false} MatchesTwoLiterals(a: string, b: string, path: seq<string>)
    ensures Matches([Lit(a), Lit(b)], path) <==> path == [a, b]
  {
    if |path| == 2 {
      assert Fits([Lit(a), Lit(b)][0], path[0]) <==> path[0] == a;
      assert Fits([Lit(a), Lit(b)][1], path[1]) <==> path[1] == b;
    }
  }

  lemma {:induction false} MatchesTwoLiteralsParam(a: string, b: string, path: seq<string>)
    ensures Matches([Lit(a), Lit(b), Param], path) <==> |path| == 3 && path[..2] == [a, b] && path[2] != ""
  {
    if |path| == 3 {
      var p := [Lit(a), Lit(b), Param];
      assert Fits(p[0], path[0]) <==> path[0] == a;
      assert Fits(p[1], path[1]) <==> path[1] == b;
      assert Fits(p[2], path[2]) <==> path[2] != "";
      assert path[..2] == [a, b] <==> path[0] == a && path[1] == b;
    }
  }

  lemma {:induction false} ProductsCovers(verb: Verb, path: seq<string>)
    ensures LayerHandler(App()[4], verb, path).Some? ==> LayerHandler(App()[1], verb, path).Some?
    ensures LayerHandler(App()[5], verb, path).Some? ==> LayerHandler(App()[1], verb, path).Some?
  {
    ProductsListCovers(verb, path);
    ProductGetCovers(verb, path);
  }

  lemma {:induction false} ProductsListCovers(verb: Verb, path: seq<string>)
    ensures LayerHandler(App()[4], verb, path).Some? ==> LayerHandler(App()[1], verb, path).Some?
  {
    var direct := App()[4];
    var products := App()[1];
    assert direct == Direct(Route(Get, [Lit("api"), Lit("products")]), InlineProductsList);
    assert products == Mount(["api", "products"], ProductsRouter());
    MatchesTwoLiterals("api", "products", path);
    if LayerHandler(direct, verb, path).Some? {
      assert verb == Get;
      assert products.prefix <= path && path[|products.prefix|..] == [];
      FirstRouteAt(ProductsRouter(), 0, Get, []);
    }
  }

  lemma {:induction false} ProductGetCovers(verb: Verb, path: seq<string>)
    ensures LayerHandler(App()[5], verb, path).Some? ==> LayerHandler(App()[1], verb, path).Some?
  {
    var direct := App()[5];
    var products := App()[1];
    assert direct == Direct(Route(Get, [Lit("api"), Lit("products"), Param]), InlineProductGet);
    assert products == Mount(["api", "products"], ProductsRouter());
    MatchesTwoLiteralsParam("api", "products", path);
    if LayerHandler(direct, verb, path).Some? {
      var rest := path[2..];
      assert verb == Get;
      assert products.prefix <= path && path[|products.prefix|..] == rest;
      MatchesOneParam(rest);
      assert !Matches([], rest);
      FirstRouteAt(ProductsRouter(), 1, Get, rest);
    }
  }

  lemma {:induction false} CartCovers(verb: Verb, path: seq<string>)
    ensures LayerHandler(App()[6], verb, path).Some? ==> LayerHandler(App()[3], verb, path).Some?
    ensures LayerHandler(App()[7], verb, path).Some? ==> LayerHandler(App()[3], verb, path).Some?
    ensures LayerHandler(App()[8], verb, path).Some? ==> LayerHandler(App()[3], verb, path).Some?
  {
    CartTableCovers(verb, path);
    CartLineCovers(verb, path);
  }

  lemma {:induction false} CartTableCovers(verb: Verb, path: seq<string>)
    ensures LayerHandler(App()[6], verb, path).Some? ==> LayerHandler(App()[3], verb, path).Some?
    ensures LayerHandler(App()[7], verb, path).Some? ==> LayerHandler(App()[3], verb, path).Some?
  {
    MatchesTwoLiterals("api", "cart", path);
    if LayerHandler(App()[6], verb, path).Some? || LayerHandler(App()[7], verb, path).Some? {
      assert path[2..] == [];
    }
  }

  lemma {:induction false} CartLineCovers(verb: Verb, path: seq<string>)
    ensures LayerHandler(App()[8], verb, path).Some? ==> LayerHandler(App()[3], verb, path).Some?
  {
    var direct := App()[8];
    var cart := App()[3];
    assert direct == Direct(Route(Delete, [Lit("api"), Lit("cart"), Param]), InlineCartRemove);
    assert cart == Mount(["api", "cart"], CartRouter());
    MatchesTwoLiteralsParam("api", "cart", path);
    if LayerHandler(direct, verb, path).Some? {
      var rest := path[2..];
      assert verb == Delete;
      assert cart.prefix <= path && path[|cart.prefix|..] == rest;
      MatchesOneParam(rest);
      assert !Matches([], rest);
      FirstRouteAt(CartRouter(), 2, Delete, rest);
    }
  }

  lemma {:induction false} CheckoutCovers(verb: Verb, path: seq<string>)
    ensures LayerHandler(App()[9], verb, path).Some? ==> LayerHandler(App()[0], verb, path).Some?
  {
    MatchesTwoLiterals("api", "checkout", path);
    if LayerHandler(App()[9], verb, path).Some? {
      assert path[2..] == [];
    }
  }

  /** Dispatch runs the first layer that matches. */
  lemma {:induction false} DispatchFirst(layers: seq<Layer>, k: int, verb: Verb, path: seq<string>)
    requires 0 <= k < |layers|
    requires forall m :: 0 <= m < k ==> LayerHandler(layers[m], verb, path).None?
    requires LayerHandler(layers[k], verb, path).Some?
    ensures Dispatch(layers, verb, path) == LayerHandler(layers[k], verb, path)
  {
    var r := Dispatch(layers, verb, path);
    var k' :| 0 <= k' < |layers| && LayerHandler(layers[k'], verb, path) == r
      && forall m :: 0 <= m < k' ==> LayerHandler(layers[m], verb, path).None?;
    assert k' == k;
  }

  /** No router mounted before the cart router claims a path under
      `/api/cart`. */
  lemma {:induction false} NothingBeforeCart(verb: Verb, path: seq<string>)
    requires |path| >= 2 && path[..2] == ["api", "cart"]
    ensures forall m :: 0 <= m < 3 ==> LayerHandler(App()[m], verb, path).None?
  {
    assert path[1] == "cart";
    assert !(["api", "checkout"] <= path);
    assert !(["api", "products"] <= path);
    assert !(["api", "recommendations"] <= path);
  }

  /** The requests the in-line cart and checkout handlers were written for
      reach the routers instead. */
  lemma {:induction false} CartAndCheckoutGoToRouters(id: string)
    requires id != ""
    ensures Dispatch(App(), Post, ["api", "cart"]) == Some(CartAdd)
    ensures Dispatch(App(), Get, ["api", "cart"]) == Some(CartList)
    ensures Dispatch(App(), Delete, ["api", "cart", id]) == Some(CartRemove)
    ensures Dispatch(App(), Delete, ["api", "cart"]) == Some(CartClear)
    ensures Dispatch(App(), Post, ["api", "checkout"]) == Some(CheckoutPlace)
  {
    CartTableRequests();
    CartLineRequest(id);
    CheckoutRequestGoesToRouter();
  }

  lemma {:induction false} CartTableRequests()
    ensures Dispatch(App(), Post, ["api", "cart"]) == Some(CartAdd)
    ensures Dispatch(App(), Get, ["api", "cart"]) == Some(CartList)
    ensures Dispatch(App(), Delete, ["api", "cart"]) == Some(CartClear)
  {
    var none: seq<string> := [];
    var cart: seq<string> := ["api", "cart"];
    assert cart + none == cart;
    FirstRouteAt(CartRouter(), 1, Post, none);
    CartRequest(Post, none);
    FirstRouteAt(CartRouter(), 0, Get, none);
    CartRequest(Get, none);
    CartClearRequest();
  }

  lemma {:induction false} CartClearRequest()
    ensures Dispatch(App(), Delete, ["api", "cart"]) == Some(CartClear)
  {
    var none: seq<string> := [];
    var cart: seq<string> := ["api", "cart"];
    assert cart + none == cart;
    var routes := CartRouter();
    assert !Matches(routes[2].0.pattern, none);
    assert Matches(routes[3].0.pattern, none);
    FirstRouteAt(routes, 3, Delete, none);
    CartRequest(Delete, none);
  }

  lemma {:induction false} CartLineRequest(id: string)
    requires id != ""
    ensures Dispatch(App(), Delete, ["api", "cart", id]) == Some(CartRemove)
  {
    var cart: seq<string> := ["api", "cart"];
    assert cart + [id] == ["api", "cart", id];
    MatchesOneParam([id]);
    assert !Matches([], [id]);
    FirstRouteAt(CartRouter(), 2, Delete, [id]);
    CartRequest(Delete, [id]);
  }

  lemma {:induction false} CheckoutRequestGoesToRouter()
    ensures Dispatch(App(), Post, ["api", "checkout"]) == Some(CheckoutPlace)
  {
    var checkout: seq<string> := ["api", "checkout"];
    assert checkout[2..] == [];
    FirstRouteAt(CheckoutRouter(), 0, Post, []);
    DispatchFirst(App(), 0, Post, checkout);
  }

  /** A request under `/api/cart` that one of the cart router's routes fits
      is answered by the cart router. */
  lemma {:induction false} CartRequest(verb: Verb, rest: seq<string>)
    requires FirstRoute(CartRouter(), verb, rest).Some?
    ensures Dispatch(App(), verb, ["api", "cart"] + rest) == FirstRoute(CartRouter(), verb, rest)
  {
    var path := ["api", "cart"] + rest;
    assert path[..2] == ["api", "cart"] && path[2..] == rest;
    NothingBeforeCart(verb, path);
    var cart := App()[3];
    assert cart == Mount(["api", "cart"], CartRouter());
    assert cart.prefix <= path && path[|cart.prefix|..] == rest;
    assert LayerHandler(cart, verb, path) == FirstRoute(CartRouter(), verb, rest);
    DispatchFirst(App(), 3, verb, path);
  }

  /** The order-ledger reads are not shadowed: nothing registered before
      them matches their paths. */
  lemma {:induction false} OrderRoutesAreLive(code: string)
    requires code != ""
    ensures Dispatch(App(), Get, ["api", "orders"]) == Some(OrdersList)
    ensures Dispatch(App(), Get, ["api", "orders", code]) == Some(OrderGet)
  {
    var list: seq<string> := ["api", "orders"];
    var one: seq<string> := ["api", "orders", code];
    OrderListIsLive(list);
    OrderLookupIsLive(one);
  }

  lemma {:induction false} OrderListIsLive(path: seq<string>)
    requires path == ["api", "orders"]
    ensures Dispatch(App(), Get, path) == Some(OrdersList)
  {
    assert path[..2] == path;
    NothingBeforeOrders(path);
    MatchesTwoLiterals("api", "orders", path);
    DispatchFirst(App(), 10, Get, path);
  }

  lemma {:induction false} OrderLookupIsLive(path: seq<string>)
    requires |path| == 3 && path[..2] == ["api", "orders"] && path[2] != ""
    ensures Dispatch(App(), Get, path) == Some(OrderGet)
  {
    NothingBeforeOrders(path);
    MatchesTwoLiterals("api", "orders", path);
    MatchesTwoLiteralsParam("api", "orders", path);
    DispatchFirst(App(), 11, Get, path);
  }

  lemma {:induction false} NothingBeforeOrders(path: seq<string>)
    requires |path| >= 2 && path[..2] == ["api", "orders"]
    ensures forall m :: 0 <= m < 10 ==> LayerHandler(App()[m], Get, path).None?
  {
    assert path[1] == "orders";
    assert !(["api", "checkout"] <= path);
    assert !(["api", "products"] <= path);
    assert !(["api", "recommendations"] <= path);
    assert !(["api", "cart"] <= path);
    MatchesTwoLiterals("api", "products", path);
    MatchesTwoLiteralsParam("api", "products", path);
    MatchesTwoLiterals("api", "cart", path);
    MatchesTwoLiteralsParam("api", "cart", path);
    MatchesTwoLiterals("api", "checkout", path);
  }
}
