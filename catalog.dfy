/** The products table. Every flow in this model reads it; none changes it. */
module Catalog {
  import opened Text

  /** One row of the products table. `description` is the one nullable
      text column; name, category and image are NOT NULL. */
  datatype Product = Product(
    id: int,
    name: string,
    price: real,
    category: string,
    image: string,
    description: Option<string>,
    stock: int)

  /** `id` is the table's primary key. */
  ghost predicate UniqueIds(catalog: seq<Product>) {
    forall i, j :: 0 <= i < j < |catalog| ==> catalog[i].id != catalog[j].id
  }

  /** `SELECT * FROM products WHERE id = ?`: the row with that id, if any. */
  function Find(catalog: seq<Product>, id: int): (r: Option<Product>)
    ensures r.Some? ==> r.value in catalog && r.value.id == id
    ensures r.None? <==> forall p :: p in catalog ==> p.id != id
  {
    if catalog == [] then None
    else if catalog[0].id == id then Some(catalog[0])
    else Find(catalog[1..], id)
  }

  /** With unique ids the row found is the one and only row with that id. */
  lemma {:induction false} FindUnique(catalog: seq<Product>, p: Product)
    requires UniqueIds(catalog)
    requires p in catalog
    ensures Find(catalog, p.id) == Some(p)
  {
    if catalog[0] != p {
      assert UniqueIds(catalog[1..]);
      assert p in catalog[1..];
      FindUnique(catalog[1..], p);
      assert catalog[0].id != p.id by {
        var j :| 0 <= j < |catalog| && catalog[j] == p;
      }
    }
  }
}
