/** Mood recommendations: a case-insensitive keyword filter over each
    product's name, category and description, cut to five results, with a
    shuffled pick of five when nothing matches. */
module Recommendations {
  import opened Text
  import opened Catalog

  /** Most products one response carries. */
  const Limit: nat := 5

  /** `(req.query.mood || "").toLowerCase()`. */
  function Mood(param: Option<string>): (m: string)
    ensures forall i :: 0 <= i < |m| ==> !('A' <= m[i] <= 'Z')
    ensures !TruthyString(param) ==> m == ""
    ensures TruthyString(param) ==> |m| == |param.value|
    ensures param.Some? ==> m == Lower(param.value)
  {
    Lower(if TruthyString(param) then param.value else "")
  }

  /** `[p.name, p.category, p.description].some(f => f.toLowerCase().includes(mood))`:
      the fields are tried in that order and the first hit stops the
      search; reaching a null description throws, modelled as None. */
  function MatchesMood(p: Product, mood: string): (r: Option<bool>)
    ensures r.None? ==> p.description.None?
    ensures r == Some(false) ==> !Contains(Lower(p.name), mood) && !Contains(Lower(p.category), mood)
  {
    if Contains(Lower(p.name), mood) || Contains(Lower(p.category), mood) then Some(true)
    else
      match p.description
      case None => None
      case Some(d) => Some(Contains(Lower(d), mood))
  }

  /** A product matches exactly when one of its three fields contains the
      mood, ignoring case; the check fails only on a product with no
      description whose name and category both miss. */
  lemma {:induction false} MatchesMoodSpec(p: Product, mood: string)
    ensures MatchesMood(p, mood) == Some(true) <==>
      || Contains(Lower(p.name), mood)
      || Contains(Lower(p.category), mood)
      || (p.description.Some? && Contains(Lower(p.description.value), mood))
    ensures MatchesMood(p, mood).None? <==>
      !Contains(Lower(p.name), mood) && !Contains(Lower(p.category), mood) && p.description.None?
  {
  }

  /** `products.filter(...)`: the matching products in catalog order; an
      error on any product fails the whole request. */
  function MoodFilter(products: seq<Product>, mood: string): (r: Option<seq<Product>>)
    ensures r.Some? ==> |r.value| <= |products|
  {
    if products == [] then Some([])
    else
      match MatchesMood(products[0], mood)
      case None => None
      case Some(hit) =>
        match MoodFilter(products[1..], mood)
        case None => None
        case Some(rest) => Some(if hit then [products[0]] + rest else rest)
  }

  /** The filter succeeds exactly when every product can be checked, and
      then keeps exactly the matching products, in catalog order. */
  lemma {:induction false} MoodFilterSpec(products: seq<Product>, mood: string)
    ensures MoodFilter(products, mood).Some? <==>
      forall i :: 0 <= i < |products| ==> MatchesMood(products[i], mood).Some?
    ensures MoodFilter(products, mood).Some? ==>
      && (forall p :: p in MoodFilter(products, mood).value <==> p in products && MatchesMood(p, mood) == Some(true))
      && SubsequenceOf(MoodFilter(products, mood).value, products)
  {
    if products != [] {
      var tail := products[1..];
      MoodFilterSpec(tail, mood);
      assert forall i :: 0 < i < |products| ==> products[i] == tail[i - 1];
      var r := MoodFilter(products, mood);
      if r.Some? {
        var rest := MoodFilter(tail, mood).value;
        if MatchesMood(products[0], mood) == Some(true) {
          assert r.value == [products[0]] + rest;
          assert r.value[1..] == rest;
        } else {
          assert r.value == rest;
        }
      }
    }
  }

  /** An empty mood matches every product: every name contains "". */
  lemma {:induction false} EmptyMoodMatchesAll(products: seq<Product>)
    ensures MoodFilter(products, "") == Some(products)
  {
    if products != [] {
      ContainsEmpty(Lower(products[0].name));
      EmptyMoodMatchesAll(products[1..]);
      assert [products[0]] + products[1..] == products;
    }
  }

  datatype RecsResponse =
    | Recs(mood: string, count: int, recommendations: seq<Product>)
    | RecsError(status: int, error: string)

  function Min(a: int, b: int): int {
    if a <= b then a else b
  }

  /** GET `/`. `shuffled` stands for the catalog after the random sort, so
      it holds the same products in some order. */
  function Recommend(products: seq<Product>, moodParam: Option<string>, shuffled: seq<Product>): (r: RecsResponse)
    requires multiset(shuffled) == multiset(products)
    ensures r.RecsError? <==> MoodFilter(products, Mood(moodParam)).None?
    ensures r.RecsError? ==> r == RecsError(500, "Failed to load recommendations")
    ensures r.Recs? ==> r.count == |r.recommendations| <= Limit
    ensures r.Recs? ==> forall p :: p in r.recommendations ==> p in products
    ensures r.Recs? ==> r.mood == if Mood(moodParam) == "" then "default" else Mood(moodParam)
  {
    var mood := Mood(moodParam);
    match MoodFilter(products, mood)
    case None => RecsError(500, "Failed to load recommendations")
    case Some(recs) =>
      MoodFilterSpec(products, mood);
      var results := if |recs| > 0 then recs[..Min(Limit, |recs|)] else shuffled[..Min(Limit, |shuffled|)];
      assert forall p :: p in shuffled ==> p in products by {
        forall p | p in shuffled ensures p in products {
          assert p in multiset(shuffled);
        }
      }
      Recs(if mood == "" then "default" else mood, |results|, results)
  }

  /** With at least one match the answer is the first five matches (or all
      of them), in catalog order. */
  lemma {:induction false} RecommendTopMatches(products: seq<Product>, moodParam: Option<string>, shuffled: seq<Product>)
    requires multiset(shuffled) == multiset(products)
    requires MoodFilter(products, Mood(moodParam)).Some?
    requires MoodFilter(products, Mood(moodParam)).value != []
    ensures var m := MoodFilter(products, Mood(moodParam)).value;
      Recommend(products, moodParam, shuffled).recommendations == m[..Min(Limit, |m|)]
  {
  }

  /** With no match the answer is five (or all) catalog products, in the
      shuffled order. */
  lemma {:induction false} RecommendFallback(products: seq<Product>, moodParam: Option<string>, shuffled: seq<Product>)
    requires multiset(shuffled) == multiset(products)
    requires MoodFilter(products, Mood(moodParam)) == Some([])
    ensures |Recommend(products, moodParam, shuffled).recommendations| == Min(Limit, |products|)
    ensures Recommend(products, moodParam, shuffled).recommendations == shuffled[..Min(Limit, |products|)]
  {
    assert |multiset(shuffled)| == |multiset(products)|;
  }

  /** Without a mood the answer is the first five catalog products, labelled
      "default". */
  lemma {:induction false} NoMoodGivesFirstFive(products: seq<Product>, shuffled: seq<Product>)
    requires multiset(shuffled) == multiset(products)
    ensures Recommend(products, None, shuffled) == Recs("default", Min(Limit, |products|), products[..Min(Limit, |products|)])
  {
    EmptyMoodMatchesAll(products);
    assert Mood(None) == "";
    if products == [] {
      assert |multiset(shuffled)| == 0;
    }
  }
}
