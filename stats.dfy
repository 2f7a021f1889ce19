/** The figures `updateStats` writes: the product count and the inventory value. */
module Stats {
  import opened Catalog

  /** What one product contributes to the inventory value, in cents. */
  function LineValue(p: Product): int
  {
    p.precio * p.cantidad
  }

  /** The `reduce` of `updateStats`, from 0, adding each product's line value left to
      right: the sum over a prefix is extended by its last product. */
  function TotalValue(ps: seq<Product>): (v: int)
    ensures (forall i :: 0 <= i < |ps| ==> ps[i].precio >= 0 && ps[i].cantidad >= 0) ==> v >= 0
  {
    if ps == [] then 0
    else
      var last := ps[|ps| - 1];
      assert last.precio >= 0 && last.cantidad >= 0 ==> LineValue(last) >= 0;
      TotalValue(ps[..|ps| - 1]) + LineValue(last)
  }

  /** The value of an empty store is zero and the value is additive over
      concatenation. */
  lemma {:induction false} TotalValueConcat(a: seq<Product>, b: seq<Product>)
    ensures TotalValue([]) == 0
    ensures TotalValue(a + b) == TotalValue(a) + TotalValue(b)
    decreases |b|
  {
    if b == [] {
      assert a + b == a;
    } else {
      var b' := b[..|b| - 1];
      assert (a + b)[..|a + b| - 1] == a + b';
      TotalValueConcat(a, b');
    }
  }

  /** The value is the sum of the line values taken from the front. */
  lemma {:induction false} TotalValueCons(p: Product, ps: seq<Product>)
    ensures TotalValue([p] + ps) == LineValue(p) + TotalValue(ps)
  {
    TotalValueConcat([p], ps);
    assert [p][..0] == [];
  }

  /** The demonstration rows: 2 products worth 3 x 1299.99 + 15 x 24.99 = 4274.82. */
  lemma ExampleStats()
    ensures |ExampleProducts| == 2
    ensures TotalValue(ExampleProducts) == 427482
  {
    assert ExampleProducts[..1][..0] == [];
  }
}
